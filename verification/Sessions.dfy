/** Registration and login (player.go:106-168, 201-207; death.go:129-159). */
module Sessions {
  import opened Goods
  import opened Entities
  import opened Worlds
  import opened Death

  /** A new trader's record: the full starting kit, in dock at Sol, not yet seen by anybody. */
  function Recruit(cfg: Config): (r: Player)
    ensures r.Has(Holds) == cfg.startingHolds && r.Has(Fighters) == cfg.startingFighters && r.Has(Turns) == cfg.turnsPerDay
    ensures r.InFedSpace() && !r.IsDead() && !r.IsNpc() && !r.everMoved && r.systems == INTACT
  {
    Player(Trader, 1, cfg.startingCredits, 0, map g: Good | true :: Starting(cfg, g, 100), 0, INTACT, 0, 0, 0, false, false)
  }

  /** Registration either refuses the handle or adds one trader at the end of the list. */
  method RegisterPlayer(w: World, nameOk: bool, nameFree: bool) returns (err: Error, p: int)
    requires w.Valid()
    modifies w`players
    ensures w.Valid()
    ensures err == if !nameOk then InvalidName else if !nameFree then AlreadyExists else NoError
    ensures w.players == if err.NoError? then old(w.players) + [Recruit(w.cfg)] else old(w.players)
    ensures err.NoError? ==> p == |old(w.players)|
  {
    hide SoundState;
    p := -1;
    if !nameOk {
      return InvalidName, p;
    }
    if !nameFree {
      return AlreadyExists, p;
    }
    Joining(w.View(), w.numsec, Recruit(w.cfg));
    w.players := w.players + [Recruit(w.cfg)];
    return NoError, |w.players| - 1;
  }

  lemma Joining(s: State, numsec: int, p: Player)
    requires SoundState(s, numsec) && PlayerOk(p, numsec)
    ensures SoundState(s.(players := s.players + [p]), numsec)
  {
  }

  function Seen(p: Player, now: Time): Player {
    p.(lastSeen := now, expired := false)
  }

  /** The record of a player who logs in: no longer absent, and rebuilt if due. */
  function Welcomed(cfg: Config, p: Player, now: Time): Player {
    if p.IsDead() && !SameDay(p.diedAt, now) then
      StartingShip(cfg, Seen(p, now), 100 - Penalty(p.timesDied)).(diedAt := 0, sector := 1)
    else Seen(p, now)
  }

  /** A session starts: absence ends, and a player dead since an earlier day is rebuilt. */
  method Login(w: World, p: PlayerId, now: Time) returns (rebuilt: bool)
    requires w.Valid() && p < |w.players|
    modifies w`players
    ensures w.Valid() && |w.players| == |old(w.players)|
    ensures w.players == old(w.players)[p := w.players[p]]
    ensures rebuilt <==> old(w.players[p].IsDead()) && !SameDay(old(w.players[p].diedAt), now)
    ensures w.players[p].kind == old(w.players[p]).kind && !w.players[p].expired && w.players[p].lastSeen == now
    ensures !rebuilt ==> w.players[p] == Seen(old(w.players[p]), now)
    ensures w.players[p] == Welcomed(w.cfg, old(w.players[p]), now)
    ensures rebuilt ==> !w.players[p].IsDead() && w.players[p].sector == 1 && w.players[p].bank == old(w.players[p]).bank
  {
    hide SoundState;
    ghost var s := w.View();
    ShipOk(s, w.numsec, p);
    w.players := w.players[p := Seen(w.players[p], now)];
    Refitted(s, w.numsec, p, w.players[p]);
    rebuilt := ReconstructIfDue(w, p, now);
  }
}
