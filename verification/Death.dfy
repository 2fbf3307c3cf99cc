/** Death, forfeiture and reconstruction (death.go). */
module Death {
  import opened Goods
  import opened Entities
  import opened Worlds

  /** Factions do not die. */
  ghost predicate FactionsLive(players: seq<Player>) {
    forall i :: 0 <= i < |players| && players[i].IsNpc() ==> !players[i].IsDead()
  }

  /** The faction's record, created on first use. */
  method EnsureNpc(w: World, kind: Kind) returns (npc: PlayerId)
    requires FactionsLive(w.players) && !kind.Trader?
    modifies w`players
    ensures FactionsLive(w.players) && KeptBut(old(w.players), w.players, {})
    ensures npc < |w.players| && w.players[npc].kind == kind
    ensures w.players == if exists p :: p in old(w.players) && p.kind == kind then old(w.players) else old(w.players) + [FactionRecord(kind)]
  {
    var i := 0;
    while i < |w.players|
      invariant 0 <= i <= |w.players|
      invariant forall k :: 0 <= k < i ==> w.players[k].kind != kind
      modifies {}
    {
      if w.players[i].kind == kind {
        return i;
      }
      i := i + 1;
    }
    w.players := w.players + [FactionRecord(kind)];
    return |w.players| - 1;
  }

  /** What p owned belongs to one of the heirs; every other asset keeps its owner. */
  ghost predicate Forfeited(p: PlayerId, before: PlayerId, after: PlayerId, players: seq<Player>, heirs: set<Kind>) {
    if before == p then after < |players| && players[after].kind in heirs else after == before
  }

  ghost predicate GarrisonsForfeited(p: PlayerId, before: seq<Battlegroup>, after: seq<Battlegroup>, players: seq<Player>) {
    && |after| == |before|
    && forall k :: 0 <= k < |after| ==>
         after[k] == before[k].(owner := after[k].owner) && Forfeited(p, before[k].owner, after[k].owner, players, GARRISON_HEIRS)
  }

  ghost predicate PlanetsForfeited(p: PlayerId, before: seq<Planet>, after: seq<Planet>, players: seq<Player>) {
    && |after| == |before|
    && forall k :: 0 <= k < |after| ==>
         after[k] == before[k].(owner := after[k].owner) && Forfeited(p, before[k].owner, after[k].owner, players, PLANET_HEIRS)
  }

  ghost predicate AssetsForfeited(s: State, t: State, p: PlayerId) {
    && KeptBut(s.players, t.players, {})
    && GarrisonsForfeited(p, s.bgs, t.bgs, t.players)
    && PlanetsForfeited(p, s.planets, t.planets, t.players)
  }

  /** Defense forces go to the Renegades; planets revolt to the Cabal or the Federation. */
  method ForfeitAssets(w: World, p: PlayerId)
    requires w.Sound() && p < |w.players| && !w.players[p].IsNpc()
    modifies w`players, w`bgs, w`planets
    ensures w.Sound() && AssetsForfeited(old(w.View()), w.View(), p)
  {
    ForfeitGarrisons(w, p);
    ForfeitPlanets(w, p);
    assert AssetsForfeited(old(w.View()), w.View(), p);
    ForfeitSound(old(w.View()), w.View(), w.numsec, p);
  }

  lemma ForfeitSound(s: State, t: State, numsec: int, p: PlayerId)
    requires SoundState(s, numsec) && AssetsForfeited(s, t, p)
    ensures SoundState(t, numsec)
  {
  }

  method ForfeitGarrisons(w: World, p: PlayerId)
    requires FactionsLive(w.players)
    modifies w`players, w`bgs
    ensures FactionsLive(w.players) && KeptBut(old(w.players), w.players, {})
    ensures GarrisonsForfeited(p, old(w.bgs), w.bgs, w.players)
  {
    var renegades := EnsureNpc(w, Renegades);
    var i := 0;
    while i < |w.bgs|
      invariant 0 <= i <= |w.bgs| == |old(w.bgs)|
      invariant forall k :: 0 <= k < i ==>
                  w.bgs[k] == if old(w.bgs)[k].owner == p then old(w.bgs)[k].(owner := renegades) else old(w.bgs)[k]
      invariant forall k :: i <= k < |w.bgs| ==> w.bgs[k] == old(w.bgs)[k]
      modifies w`bgs
    {
      if w.bgs[i].owner == p {
        w.bgs := w.bgs[i := w.bgs[i].(owner := renegades)];
      }
      i := i + 1;
    }
  }

  method ForfeitPlanets(w: World, p: PlayerId)
    requires FactionsLive(w.players)
    modifies w`players, w`planets
    ensures FactionsLive(w.players) && KeptBut(old(w.players), w.players, {})
    ensures PlanetsForfeited(p, old(w.planets), w.planets, w.players)
  {
    var i := 0;
    while i < |w.planets|
      invariant 0 <= i <= |w.planets| == |old(w.planets)|
      invariant FactionsLive(w.players) && KeptBut(old(w.players), w.players, {})
      invariant forall k :: 0 <= k < i ==>
                  w.planets[k] == old(w.planets)[k].(owner := w.planets[k].owner)
                  && Forfeited(p, old(w.planets)[k].owner, w.planets[k].owner, w.players, PLANET_HEIRS)
      invariant forall k :: i <= k < |w.planets| ==> w.planets[k] == old(w.planets)[k]
    {
      if w.planets[i].owner == p {
        var cabal: bool := *;
        var heir := EnsureNpc(w, if cabal then Cabal else Federation);
        w.planets := w.planets[i := w.planets[i].(owner := heir)];
      }
      i := i + 1;
    }
  }

  /** The record of a player killed at `now`. */
  function Killed(p: Player, now: Time): Player {
    p.(timesDied := p.timesDied + 1, diedAt := now, sector := 0)
  }

  /** Marks a player dead and forfeits the standing assets; a dead player is left alone. */
  method KillPlayer(w: World, p: PlayerId, now: Time)
    requires w.Sound() && p < |w.players| && !w.players[p].IsNpc()
    modifies w`players, w`bgs, w`planets
    ensures w.Sound() && Aftermath(old(w.View()), w.View(), {p})
    ensures p < |w.players|
    ensures w.players[p] == if old(w.players[p].IsDead()) then old(w.players[p]) else Killed(old(w.players[p]), now)
  {
    hide SoundState, Aftermath, KeptBut, GarrisonsForfeited, PlanetsForfeited;
    if w.players[p].IsDead() {
      NothingHappened(w.View());
      Wider(w.View(), w.View(), {}, {p});
      return;
    }
    ForfeitAssets(w, p);
    ForfeitKeeps(old(w.View()), w.View(), p);
    ghost var t := w.View();
    w.players := w.players[p := Killed(w.players[p], now)];
    Buried(old(w.View()), t, w.numsec, p, now);
  }

  lemma ForfeitKeeps(s: State, t: State, p: PlayerId)
    requires AssetsForfeited(s, t, p) && p < |s.players|
    ensures p < |t.players| && t.players[p] == s.players[p]
  {
  }

  /** Once the assets are gone the player may be marked dead. */
  lemma Buried(s: State, t: State, numsec: int, p: PlayerId, now: Time)
    requires p < |s.players| && !s.players[p].IsNpc() && !s.players[p].IsDead()
    requires AssetsForfeited(s, t, p) && SoundState(t, numsec)
    ensures p < |t.players|
    ensures var u := t.(players := t.players[p := Killed(t.players[p], now)]);
            SoundState(u, numsec) && Aftermath(s, u, {p})
  {
  }

  /** What a newly issued ship carries, with the kit scaled to `mult` percent. */
  function Starting(cfg: Config, g: Good, mult: nat): nat {
    match g
    case Holds => cfg.startingHolds * mult / 100
    case Fighters => cfg.startingFighters * mult / 100
    case Turns => cfg.turnsPerDay
    case _ => 0
  }

  /** A fresh starting ship: nothing of the old one is left but its owner's account and history. */
  function StartingShip(cfg: Config, p: Player, mult: nat): (r: Player)
    ensures forall g :: r.Has(g) == Starting(cfg, g, mult)
    ensures r.systems == INTACT && r.bankedTurns == 0
    ensures r.bank == p.bank && r.sector == p.sector && r.diedAt == p.diedAt && r.timesDied == p.timesDied
  {
    p.(inv := map g: Good | true :: Starting(cfg, g, mult),
       money := cfg.startingCredits * mult / 100,
       systems := INTACT,
       bankedTurns := 0)
  }

  /** The purse is scaled like the kit, fractions of a credit dropped. */
  lemma StartingPurse(cfg: Config, p: Player, mult: nat)
    ensures 100 * StartingShip(cfg, p, mult).money <= cfg.startingCredits * mult < 100 * StartingShip(cfg, p, mult).money + 100
  {
  }

  /** The record of a player repossessed after long absence. */
  function Repossessed(cfg: Config, p: Player): Player {
    StartingShip(cfg, p, 100).(bank := 0, sector := 1, expired := true)
  }

  /** Clean-up after long absence: assets forfeited, a fresh ship at Sol, no death and no penalty. */
  method ExpirePlayer(w: World, p: PlayerId)
    requires w.Sound() && p < |w.players|
    modifies w`players, w`bgs, w`planets
    ensures w.Sound()
    ensures if old(w.players[p].IsNpc() || w.players[p].IsDead() || w.players[p].expired)
            then w.View() == old(w.View())
            else exists t :: AssetsForfeited(old(w.View()), t, p) && p < |t.players|
                             && w.View() == t.(players := t.players[p := Repossessed(w.cfg, old(w.players[p]))])
  {
    hide SoundState, KeptBut, GarrisonsForfeited, PlanetsForfeited;
    if w.players[p].IsNpc() || w.players[p].IsDead() || w.players[p].expired {
      return;
    }
    ForfeitAssets(w, p);
    ForfeitKeeps(old(w.View()), w.View(), p);
    ghost var t := w.View();
    w.players := w.players[p := StartingShip(w.cfg, w.players[p], 100).(bank := 0, sector := 1, expired := true)];
    assert w.View() == t.(players := t.players[p := Repossessed(w.cfg, old(w.players[p]))]);
    Refitted(t, w.numsec, p, Repossessed(w.cfg, old(w.players[p])));
  }

  /** The share of the kit withheld at the n-th reconstruction: 65 (n - 1) / n percent, rounded half up. */
  function Penalty(timesDied: int): (r: nat)
    ensures timesDied <= 1 ==> r == 0
    ensures r <= 65
  {
    if timesDied <= 1 then 0 else
      PenaltyBound(timesDied);
      (131 * timesDied - 130) / (2 * timesDied)
  }

  lemma PenaltyBound(n: int)
    requires n > 1
    ensures 0 <= (131 * n - 130) / (2 * n) <= 65
  {
    Quotient(131 * n - 130, 2 * n);
    var q := (131 * n - 130) / (2 * n);
    if q >= 66 {
      Scaled(66, q, 2 * n);
    }
  }

  lemma Quotient(a: int, b: int)
    requires a >= 0 && b > 0
    ensures (a / b) * b <= a < (a / b) * b + b && a / b >= 0
  {
  }

  lemma Scaled(x: int, y: int, b: int)
    requires x <= y && b > 0
    ensures x * b <= y * b
  {
  }

  lemma AtLeast(a: int, b: int, q: int)
    requires a >= 0 && b > 0 && q * b <= a
    ensures q <= a / b
  {
    Quotient(a, b);
    if q >= a / b + 1 {
      Scaled(a / b + 1, q, b);
    }
  }

  /** From the second death on, the penalty is within half a percent of 65 (n - 1) / n, and a half is rounded up. */
  lemma PenaltyRounded(n: int)
    requires n > 1
    ensures var real65 := 65.0 * (n - 1) as real / n as real;
            Penalty(n) as real - 0.5 <= real65 < Penalty(n) as real + 0.5
    ensures Penalty(2) == 33
  {
    var q := Penalty(n);
    Quotient(131 * n - 130, 2 * n);
    assert 2.0 * n as real * q as real == (q * (2 * n)) as real;
    Within(65.0 * (n - 1) as real, n as real, q as real);
  }

  lemma Within(x: real, b: real, q: real)
    requires b > 0.0 && 2.0 * b * q <= 2.0 * x + b < 2.0 * b * q + 2.0 * b
    ensures q - 0.5 <= x / b < q + 0.5
  {
    var y := x / b;
    assert x == y * b;
    if y < q - 0.5 {
      TimesReal(y, q - 0.5, b);
    }
    if y >= q + 0.5 {
      TimesReal(q + 0.5, y, b);
    }
  }

  lemma TimesReal(x: real, y: real, b: real)
    requires b > 0.0
    ensures x < y ==> x * b < y * b
    ensures x <= y ==> x * b <= y * b
  {
  }

  /** Death after death, the penalty never eases. */
  lemma PenaltyEscalates(n: int)
    ensures Penalty(n) <= Penalty(n + 1)
  {
    if n > 1 {
      var q := Penalty(n);
      Quotient(131 * n - 130, 2 * n);
      assert q * (2 * (n + 1)) == q * (2 * n) + 2 * q;
      AtLeast(131 * (n + 1) - 130, 2 * (n + 1), q);
    }
  }

  /** Whether the two instants fall on the same calendar day. */
  predicate SameDay(a: int, b: int) {
    a / DAY == b / DAY
  }

  /** The death check at login: from the day after the death the player is rebuilt at Sol. */
  method ReconstructIfDue(w: World, p: PlayerId, now: Time) returns (rebuilt: bool)
    requires w.Valid() && p < |w.players|
    modifies w`players
    ensures w.Valid()
    ensures rebuilt <==> old(w.players[p].IsDead()) && !SameDay(old(w.players[p].diedAt), now)
    ensures !rebuilt ==> w.players == old(w.players)
    ensures rebuilt ==>
              w.players == old(w.players)[p :=
                StartingShip(w.cfg, old(w.players[p]), 100 - Penalty(old(w.players[p].timesDied))).(diedAt := 0, sector := 1)]
  {
    if !w.players[p].IsDead() || SameDay(w.players[p].diedAt, now) {
      return false;
    }
    var mult := 100 - Penalty(w.players[p].timesDied);
    w.players := w.players[p := StartingShip(w.cfg, w.players[p], mult).(diedAt := 0, sector := 1)];
    return true;
  }
}
