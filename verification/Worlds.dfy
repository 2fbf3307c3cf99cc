/** The world object every command changes, its invariant, and its ledgers of forces. */
module Worlds {
  import opened Goods
  import opened Entities
  import opened Sectors

  /** Sysop settings. None is negative, and a fighter costs something. */
  datatype Config = Config(
    startingCredits: nat, startingHolds: nat, startingFighters: nat, turnsPerDay: nat,
    planetMaxMines: nat, costOfRepair: nat, maxHolds: nat, maxWarps: nat,
    dormantDays: nat, expireDays: nat, bankInterestPct: nat, bankInterestCap: nat,
    cabalMinPlayers: nat, cabalWakeValue: nat, cabalSleepValue: nat, cabalScalePct: nat,
    strongholdCap: nat, renMinPlayers: nat, renTargetValue: nat, quietDays: nat, targetFloor: nat,
    costFighter: nat, costHold: nat, costMine: nat, costGenesis: nat, costPlasma: nat, costPulsar: nat,
    costEscape: nat, costCloak: nat, costAntiCloak: nat, costPulsarTube: nat, costFusionCell: nat,
    costScanner: nat, costDeflector: nat)

  /** The part of the world that fights change. */
  datatype State = State(players: seq<Player>, planets: seq<Planet>, bgs: seq<Battlegroup>)

  class World {
    const sectors: seq<Sector>
    const numsec: int := |sectors| - 1
    const cfg: Config
    var players: seq<Player>
    var planets: seq<Planet>
    var bgs: seq<Battlegroup>
    var cabalActive: bool
    var renActive: bool
    var lastMaint: int
    /** Set once a quantity or a purse would have gone negative, where the engine logs a bug and clamps. */
    ghost var clamped: bool

    constructor (sectors: seq<Sector>, cfg: Config)
      requires |sectors| >= 2
      ensures this.sectors == sectors && this.cfg == cfg
      ensures players == [] && planets == [] && bgs == [] && Valid()
    {
      this.sectors, this.cfg := sectors, cfg;
      players, planets, bgs := [], [], [];
      cabalActive, renActive, lastMaint := false, false, -1;
      clamped := false;
    }

    ghost function View(): State
      reads this
    {
      State(players, planets, bgs)
    }

    /** Everything that holds in the middle of a command, too. */
    ghost predicate Sound()
      reads this
    {
      numsec >= 1 && !clamped && SoundState(View(), numsec)
    }

    /** The invariant of the world between commands. */
    ghost predicate Valid()
      reads this
    {
      Sound() && Manned(bgs)
    }

    method AdjustShip(i: PlayerId, g: Good, amount: int)
      requires i < |players|
      modifies this`players, this`clamped
      ensures players == old(players)[i := old(players[i]).(inv := Adjusted(old(players[i].inv), g, amount))]
      ensures clamped == (old(clamped) || Overdrawn(old(players[i].inv), g, amount))
    {
      clamped := clamped || Overdrawn(players[i].inv, g, amount);
      players := players[i := players[i].(inv := Adjusted(players[i].inv, g, amount))];
    }

    method AdjustGarrison(k: nat, g: Good, amount: int)
      requires k < |bgs|
      modifies this`bgs, this`clamped
      ensures bgs == old(bgs)[k := old(bgs[k]).(inv := Adjusted(old(bgs[k].inv), g, amount))]
      ensures clamped == (old(clamped) || Overdrawn(old(bgs[k].inv), g, amount))
    {
      clamped := clamped || Overdrawn(bgs[k].inv, g, amount);
      bgs := bgs[k := bgs[k].(inv := Adjusted(bgs[k].inv, g, amount))];
    }

    method AdjustPlanet(k: nat, g: Good, amount: int)
      requires k < |planets|
      modifies this`planets, this`clamped
      ensures planets == old(planets)[k := old(planets[k]).(inv := Adjusted(old(planets[k].inv), g, amount))]
      ensures clamped == (old(clamped) || Overdrawn(old(planets[k].inv), g, amount))
    {
      clamped := clamped || Overdrawn(planets[k].inv, g, amount);
      planets := planets[k := planets[k].(inv := Adjusted(planets[k].inv, g, amount))];
    }

    method AdjustMoney(i: PlayerId, amount: int)
      requires i < |players|
      modifies this`players, this`clamped
      ensures clamped == (old(clamped) || old(players[i].money) + amount < 0)
      ensures old(players[i].money) + amount >= 0 ==>
                players == old(players)[i := old(players[i]).(money := old(players[i].money) + amount)]
      ensures old(players[i].money) + amount < 0 ==> players == old(players)[i := old(players[i]).(money := 0)]
    {
      var money := players[i].money + amount;
      if money < 0 {
        clamped := true;
        money := 0;
      }
      players := players[i := players[i].(money := money as nat)];
    }
  }

  predicate Dormant(p: Player, cfg: Config, now: int) {
    !p.IsNpc() && !p.IsDead() && p.Absent(now) >= cfg.dormantDays * DAY
  }

  predicate Alive(players: seq<Player>, i: PlayerId) {
    i < |players| && !players[i].IsDead()
  }

  /**
    * Everyone is where they may be; assets have living owners, stand outside Federation space, and
    * no sector holds two defense forces or two planets.
    */
  ghost predicate SoundState(s: State, numsec: int) {
    && (forall i :: 0 <= i < |s.players| ==> PlayerOk(s.players[i], numsec))
    && (forall k :: 0 <= k < |s.bgs| ==> Alive(s.players, s.bgs[k].owner) && FED_SPACE < s.bgs[k].sector <= numsec)
    && (forall j, k :: 0 <= j < k < |s.bgs| ==> s.bgs[j].sector != s.bgs[k].sector)
    && (forall k :: 0 <= k < |s.planets| ==>
          Alive(s.players, s.planets[k].owner) && FED_SPACE < s.planets[k].sector <= numsec)
    && (forall j, k :: 0 <= j < k < |s.planets| ==> s.planets[j].sector != s.planets[k].sector)
  }

  /** No defense force is empty. */
  ghost predicate Manned(bgs: seq<Battlegroup>) {
    forall k :: 0 <= k < |bgs| ==> HasInventory(bgs[k].inv)
  }

  /** The earlier players keep their places, and their records unless named; newcomers are blank faction records. */
  ghost predicate KeptBut(before: seq<Player>, after: seq<Player>, who: set<PlayerId>) {
    && |before| <= |after|
    && (forall k: nat :: k < |before| && k !in who ==> after[k] == before[k])
    && (forall k: nat :: k < |before| ==> after[k].kind == before[k].kind && (before[k].IsDead() ==> after[k].IsDead()))
    && (forall k :: |before| <= k < |after| ==> after[k].IsNpc() && after[k] == FactionRecord(after[k].kind))
  }

  /** An asset changes hands only when its owner has died, and then to one of the heirs. */
  ghost predicate PassedOn(before: PlayerId, after: PlayerId, players: seq<Player>, heirs: set<Kind>) {
    || after == before
    || (before < |players| && players[before].IsDead() && after < |players| && players[after].kind in heirs)
  }

  const GARRISON_HEIRS: set<Kind> := {Renegades}
  const PLANET_HEIRS: set<Kind> := {Cabal, Federation}

  /**
    * After a fight among the ships named: nobody else's ship has changed, nobody came back from the dead,
    * and every defense force and planet stands as it stood, passed on only where its owner has died.
    */
  ghost predicate Aftermath(s: State, t: State, who: set<PlayerId>) {
    && KeptBut(s.players, t.players, who)
    && |t.bgs| == |s.bgs|
    && (forall k :: 0 <= k < |t.bgs| ==>
          t.bgs[k] == s.bgs[k].(owner := t.bgs[k].owner)
          && PassedOn(s.bgs[k].owner, t.bgs[k].owner, t.players, GARRISON_HEIRS))
    && |t.planets| == |s.planets|
    && (forall k :: 0 <= k < |t.planets| ==>
          t.planets[k] == s.planets[k].(owner := t.planets[k].owner)
          && PassedOn(s.planets[k].owner, t.planets[k].owner, t.players, PLANET_HEIRS))
  }

  lemma ShipOk(s: State, numsec: int, p: PlayerId)
    requires SoundState(s, numsec) && p < |s.players|
    ensures PlayerOk(s.players[p], numsec)
  {
  }

  /** A ship may change in place without disturbing anything else, as long as it still is where it may be. */
  lemma Refitted(s: State, numsec: int, p: PlayerId, ship: Player)
    requires p < |s.players| && SoundState(s, numsec)
    requires ship.kind == s.players[p].kind && ship.IsDead() == s.players[p].IsDead() && PlayerOk(ship, numsec)
    ensures var t := s.(players := s.players[p := ship]);
            SoundState(t, numsec) && Aftermath(s, t, {p})
  {
  }

  lemma NothingHappened(s: State)
    ensures Aftermath(s, s, {})
  {
  }

  /** One fight after another. */
  lemma Then(s: State, t: State, u: State, numsec: int, who: set<PlayerId>)
    requires Aftermath(s, t, who) && Aftermath(t, u, who)
    requires forall p :: p in who ==> p < |s.players|
    requires SoundState(s, numsec) && SoundState(t, numsec) && SoundState(u, numsec)
    ensures Aftermath(s, u, who)
  {
  }

  lemma Wider(s: State, t: State, who: set<PlayerId>, more: set<PlayerId>)
    requires Aftermath(s, t, who) && who <= more
    ensures Aftermath(s, t, more)
  {
  }

  /** If nobody joined, only the ship named can differ. */
  lemma OnlyShip(s: State, t: State, p: PlayerId)
    requires Aftermath(s, t, {p}) && |t.players| == |s.players| && p < |s.players|
    ensures t.players == s.players[p := t.players[p]]
  {
  }
}
